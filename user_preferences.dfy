/**
 * The user preferences kept in the preference store: the blocked packages, the global
 * cooldown, the onboarding flag, and one `last_gate_<package>` entry per package holding the
 * time its gate was last shown. The store is a map from key names to typed values; the
 * flows that read it are decoders over that map, and each `edit` is one update of the map.
 */
module Preferences {
  import opened Text

  /** A stored preference value, tagged with the type of its key. */
  datatype PrefValue =
    | StringSetValue(strings: set<string>)
    | IntValue(i: int)
    | BoolValue(b: bool)
    | LongValue(l: int)

  type Prefs = map<string, PrefValue>

  const LAST_GATE_PREFIX: string := "last_gate_"
  const DEFAULT_COOLDOWN_MINUTES: int := 15

  const BLOCKED_PACKAGES_KEY: string := "blocked_packages"
  const COOLDOWN_MINUTES_KEY: string := "global_cooldown_minutes"
  const ONBOARDING_COMPLETED_KEY: string := "onboarding_completed"

  /** `lastGateKey`: the key of a package's last-gate timestamp. */
  function LastGateKey(packageName: string): (k: string)
    ensures StartsWith(k, LAST_GATE_PREFIX)
    ensures RemovePrefix(k, LAST_GATE_PREFIX) == packageName
  {
    RemovePrefixOfConcat(LAST_GATE_PREFIX, packageName);
    LAST_GATE_PREFIX + packageName
  }

  predicate IsGateKey(k: string) {
    StartsWith(k, LAST_GATE_PREFIX)
  }

  /** None of the three fixed keys carries the timestamp prefix. */
  lemma FixedKeysAreNotGateKeys()
    ensures !IsGateKey(BLOCKED_PACKAGES_KEY)
    ensures !IsGateKey(COOLDOWN_MINUTES_KEY)
    ensures !IsGateKey(ONBOARDING_COMPLETED_KEY)
  {
    var prefix := LAST_GATE_PREFIX;
    assert prefix == "last_gate_";
    assert prefix[0] == 'l';
    var b, c, o := BLOCKED_PACKAGES_KEY, COOLDOWN_MINUTES_KEY, ONBOARDING_COMPLETED_KEY;
    assert b == "blocked_packages";
    assert b[0] == 'b';
    assert c == "global_cooldown_minutes";
    assert c[0] == 'g';
    assert o == "onboarding_completed";
    assert o[0] == 'o';
  }

  /**
   * The key types the data source itself writes: a string set under the blocked key, an
   * int under the cooldown key, a boolean under the onboarding key and longs under the
   * timestamp keys.
   */
  ghost predicate WellTyped(prefs: Prefs) {
    (BLOCKED_PACKAGES_KEY in prefs ==> prefs[BLOCKED_PACKAGES_KEY].StringSetValue?)
    && (COOLDOWN_MINUTES_KEY in prefs ==> prefs[COOLDOWN_MINUTES_KEY].IntValue?)
    && (ONBOARDING_COMPLETED_KEY in prefs ==> prefs[ONBOARDING_COMPLETED_KEY].BoolValue?)
    && (forall k | k in prefs && IsGateKey(k) :: prefs[k].LongValue?)
  }

  // ---------------------------------------------------------------------------
  // Decoders (the flows)
  // ---------------------------------------------------------------------------

  /** `blockedPackages`: the stored set, or the empty set. */
  function BlockedPackages(prefs: Prefs): set<string> {
    if BLOCKED_PACKAGES_KEY in prefs && prefs[BLOCKED_PACKAGES_KEY].StringSetValue?
    then prefs[BLOCKED_PACKAGES_KEY].strings
    else {}
  }

  /** `globalCooldownMinutes`: the stored minutes, or 15. */
  function GlobalCooldownMinutes(prefs: Prefs): int {
    if COOLDOWN_MINUTES_KEY in prefs && prefs[COOLDOWN_MINUTES_KEY].IntValue?
    then prefs[COOLDOWN_MINUTES_KEY].i
    else DEFAULT_COOLDOWN_MINUTES
  }

  /** `onboardingCompleted`: the stored flag, or false. */
  function OnboardingCompleted(prefs: Prefs): bool {
    if ONBOARDING_COMPLETED_KEY in prefs && prefs[ONBOARDING_COMPLETED_KEY].BoolValue?
    then prefs[ONBOARDING_COMPLETED_KEY].b
    else false
  }

  /**
   * `lastGateTimestamps`: every entry whose key has the prefix and whose value is a long,
   * keyed by the key with the prefix removed.
   */
  function LastGateTimestamps(prefs: Prefs): map<string, int> {
    map k | k in prefs && IsGateKey(k) && prefs[k].LongValue? :: RemovePrefix(k, LAST_GATE_PREFIX) := prefs[k].l
  }

  /** The decoder keeps exactly the packages whose timestamp key holds a long. */
  lemma {:induction false} TimestampsLookup(prefs: Prefs, packageName: string)
    ensures packageName in LastGateTimestamps(prefs)
            <==> LastGateKey(packageName) in prefs && prefs[LastGateKey(packageName)].LongValue?
    ensures packageName in LastGateTimestamps(prefs)
            ==> LastGateTimestamps(prefs)[packageName] == prefs[LastGateKey(packageName)].l
  {
    var key := LastGateKey(packageName);
    var m := LastGateTimestamps(prefs);
    if key in prefs && prefs[key].LongValue? {
      assert RemovePrefix(key, LAST_GATE_PREFIX) == packageName;
      assert packageName in m;
    }
    if packageName in m {
      var k :| k in prefs && IsGateKey(k) && prefs[k].LongValue?
               && RemovePrefix(k, LAST_GATE_PREFIX) == packageName;
      assert LAST_GATE_PREFIX + packageName == k;
      assert k == key;
    }
  }

  /** An empty store decodes to the defaults. */
  lemma AbsentKeysDecodeToDefaults()
    ensures BlockedPackages(map[]) == {}
    ensures GlobalCooldownMinutes(map[]) == 15
    ensures OnboardingCompleted(map[]) == false
    ensures LastGateTimestamps(map[]) == map[]
  {
  }

  // ---------------------------------------------------------------------------
  // Edits
  // ---------------------------------------------------------------------------

  /** `setPackageBlocked`: add the package to, or remove it from, the stored set. */
  function AfterSetPackageBlocked(prefs: Prefs, packageName: string, blocked: bool): Prefs {
    var current := BlockedPackages(prefs);
    prefs[BLOCKED_PACKAGES_KEY := StringSetValue(if blocked then current + {packageName} else current - {packageName})]
  }

  function AfterSetBlockedPackages(prefs: Prefs, packageNames: set<string>): Prefs {
    prefs[BLOCKED_PACKAGES_KEY := StringSetValue(packageNames)]
  }

  function AfterSetGlobalCooldownMinutes(prefs: Prefs, minutes: int): Prefs {
    prefs[COOLDOWN_MINUTES_KEY := IntValue(minutes)]
  }

  function AfterSetOnboardingCompleted(prefs: Prefs, completed: bool): Prefs {
    prefs[ONBOARDING_COMPLETED_KEY := BoolValue(completed)]
  }

  function AfterRecordGateShown(prefs: Prefs, packageName: string, timestampMillis: int): Prefs {
    prefs[LastGateKey(packageName) := LongValue(timestampMillis)]
  }

  function AfterClearGateTimestamp(prefs: Prefs, packageName: string): Prefs {
    prefs - {LastGateKey(packageName)}
  }

  /** `clearAllGateTimestamps`: the store without its prefixed keys. */
  function AfterClearAllGateTimestamps(prefs: Prefs): Prefs {
    map k | k in prefs && !IsGateKey(k) :: prefs[k]
  }

  // ---------------------------------------------------------------------------
  // Properties of the edits
  // ---------------------------------------------------------------------------

  /** Two stores that hold the same keys and values outside `changed`. */
  ghost predicate AgreeOutside(a: Prefs, b: Prefs, changed: set<string>) {
    forall k | k !in changed :: (k in a <==> k in b) && (k in a ==> a[k] == b[k])
  }

  /**
   * Blocking adds the package and unblocking removes it; every other package keeps its
   * membership, and only the blocked key changes.
   */
  lemma SetPackageBlockedUpdatesSet(prefs: Prefs, packageName: string, blocked: bool)
    ensures var after := AfterSetPackageBlocked(prefs, packageName, blocked);
            (packageName in BlockedPackages(after) <==> blocked)
            && (forall q | q != packageName :: q in BlockedPackages(after) <==> q in BlockedPackages(prefs))
            && AgreeOutside(prefs, after, {BLOCKED_PACKAGES_KEY})
  {
  }

  /** Blocking twice, or unblocking twice, is the same as doing it once. */
  lemma SetPackageBlockedIdempotent(prefs: Prefs, packageName: string, blocked: bool)
    ensures var once := AfterSetPackageBlocked(prefs, packageName, blocked);
            AfterSetPackageBlocked(once, packageName, blocked) == once
  {
    var once := AfterSetPackageBlocked(prefs, packageName, blocked);
    var b := BlockedPackages(prefs);
    var b1 := if blocked then b + {packageName} else b - {packageName};
    assert BlockedPackages(once) == b1;
    var b2 := if blocked then b1 + {packageName} else b1 - {packageName};
    assert b2 == b1;
    assert once[BLOCKED_PACKAGES_KEY := StringSetValue(b2)] == once;
  }

  /** Recording a gate makes the decoded timestamps map the package to that time. */
  lemma {:induction false} RecordGateShownRoundTrip(prefs: Prefs, packageName: string, timestampMillis: int)
    ensures LastGateTimestamps(AfterRecordGateShown(prefs, packageName, timestampMillis))
            == LastGateTimestamps(prefs)[packageName := timestampMillis]
  {
    var after := AfterRecordGateShown(prefs, packageName, timestampMillis);
    var lhs := LastGateTimestamps(after);
    var rhs := LastGateTimestamps(prefs)[packageName := timestampMillis];
    forall q
      ensures q in lhs <==> q in rhs
      ensures q in lhs ==> lhs[q] == rhs[q]
    {
      TimestampsLookup(after, q);
      TimestampsLookup(prefs, q);
      LastGateKeyInjective(q, packageName);
    }
  }

  lemma LastGateKeyInjective(a: string, b: string)
    ensures LastGateKey(a) == LastGateKey(b) <==> a == b
  {
  }

  /** Clearing one package's timestamp removes that package from the decoded map and no other. */
  lemma {:induction false} ClearGateTimestampRemovesOnlyIt(prefs: Prefs, packageName: string)
    ensures LastGateTimestamps(AfterClearGateTimestamp(prefs, packageName))
            == LastGateTimestamps(prefs) - {packageName}
  {
    var after := AfterClearGateTimestamp(prefs, packageName);
    var lhs := LastGateTimestamps(after);
    var rhs := LastGateTimestamps(prefs) - {packageName};
    forall q
      ensures q in lhs <==> q in rhs
      ensures q in lhs ==> lhs[q] == rhs[q]
    {
      TimestampsLookup(after, q);
      TimestampsLookup(prefs, q);
      LastGateKeyInjective(q, packageName);
    }
  }

  /** Clearing all timestamps empties the decoded map and keeps every other key and value. */
  lemma ClearAllEmptiesTimestamps(prefs: Prefs)
    ensures LastGateTimestamps(AfterClearAllGateTimestamps(prefs)) == map[]
    ensures forall k | !IsGateKey(k) ::
              (k in AfterClearAllGateTimestamps(prefs) <==> k in prefs)
              && (k in prefs ==> AfterClearAllGateTimestamps(prefs)[k] == prefs[k])
  {
  }

  /** The timestamp edits leave the three other decoders alone. */
  lemma {:induction false} TimestampEditsKeepSettings(prefs: Prefs, packageName: string, timestampMillis: int)
    ensures var r := AfterRecordGateShown(prefs, packageName, timestampMillis);
            BlockedPackages(r) == BlockedPackages(prefs)
            && GlobalCooldownMinutes(r) == GlobalCooldownMinutes(prefs)
            && OnboardingCompleted(r) == OnboardingCompleted(prefs)
    ensures var c := AfterClearGateTimestamp(prefs, packageName);
            BlockedPackages(c) == BlockedPackages(prefs)
            && GlobalCooldownMinutes(c) == GlobalCooldownMinutes(prefs)
            && OnboardingCompleted(c) == OnboardingCompleted(prefs)
    ensures var a := AfterClearAllGateTimestamps(prefs);
            BlockedPackages(a) == BlockedPackages(prefs)
            && GlobalCooldownMinutes(a) == GlobalCooldownMinutes(prefs)
            && OnboardingCompleted(a) == OnboardingCompleted(prefs)
  {
    FixedKeysAreNotGateKeys();
  }

  /** `setBlockedPackages` writes the blocked key alone: it reads back, and nothing else changes. */
  lemma {:induction false} SetBlockedPackagesOverwritesOnlyItsKey(prefs: Prefs, packageNames: set<string>)
    ensures var s := AfterSetBlockedPackages(prefs, packageNames);
            BlockedPackages(s) == packageNames
            && GlobalCooldownMinutes(s) == GlobalCooldownMinutes(prefs)
            && OnboardingCompleted(s) == OnboardingCompleted(prefs)
            && AgreeOutside(prefs, s, {BLOCKED_PACKAGES_KEY})
            && LastGateTimestamps(s) == LastGateTimestamps(prefs)
  {
    FixedKeysAreNotGateKeys();
    FixedKeyEditKeepsTimestamps(prefs, BLOCKED_PACKAGES_KEY, StringSetValue(packageNames));
  }

  /** `setGlobalCooldownMinutes` writes the cooldown key alone. */
  lemma {:induction false} SetCooldownOverwritesOnlyItsKey(prefs: Prefs, minutes: int)
    ensures var s := AfterSetGlobalCooldownMinutes(prefs, minutes);
            GlobalCooldownMinutes(s) == minutes
            && BlockedPackages(s) == BlockedPackages(prefs)
            && OnboardingCompleted(s) == OnboardingCompleted(prefs)
            && AgreeOutside(prefs, s, {COOLDOWN_MINUTES_KEY})
            && LastGateTimestamps(s) == LastGateTimestamps(prefs)
  {
    FixedKeysAreNotGateKeys();
    FixedKeyEditKeepsTimestamps(prefs, COOLDOWN_MINUTES_KEY, IntValue(minutes));
  }

  /** `setOnboardingCompleted` writes the onboarding key alone. */
  lemma {:induction false} SetOnboardingOverwritesOnlyItsKey(prefs: Prefs, completed: bool)
    ensures var s := AfterSetOnboardingCompleted(prefs, completed);
            OnboardingCompleted(s) == completed
            && BlockedPackages(s) == BlockedPackages(prefs)
            && GlobalCooldownMinutes(s) == GlobalCooldownMinutes(prefs)
            && AgreeOutside(prefs, s, {ONBOARDING_COMPLETED_KEY})
            && LastGateTimestamps(s) == LastGateTimestamps(prefs)
  {
    FixedKeysAreNotGateKeys();
    FixedKeyEditKeepsTimestamps(prefs, ONBOARDING_COMPLETED_KEY, BoolValue(completed));
  }

  /** Writing a key without the prefix does not change the decoded timestamps. */
  lemma {:induction false} FixedKeyEditKeepsTimestamps(prefs: Prefs, key: string, v: PrefValue)
    requires !IsGateKey(key)
    ensures LastGateTimestamps(prefs[key := v]) == LastGateTimestamps(prefs)
  {
    var lhs := LastGateTimestamps(prefs[key := v]);
    var rhs := LastGateTimestamps(prefs);
    forall q
      ensures q in lhs <==> q in rhs
      ensures q in lhs ==> lhs[q] == rhs[q]
    {
      TimestampsLookup(prefs[key := v], q);
      TimestampsLookup(prefs, q);
    }
  }

  /** Every edit keeps the key types the data source writes. */
  lemma {:induction false} EditsPreserveWellTyped(prefs: Prefs, packageName: string, blocked: bool,
                                                  packageNames: set<string>, minutes: int,
                                                  completed: bool, timestampMillis: int)
    requires WellTyped(prefs)
    ensures WellTyped(AfterSetPackageBlocked(prefs, packageName, blocked))
    ensures WellTyped(AfterSetBlockedPackages(prefs, packageNames))
    ensures WellTyped(AfterSetGlobalCooldownMinutes(prefs, minutes))
    ensures WellTyped(AfterSetOnboardingCompleted(prefs, completed))
    ensures WellTyped(AfterRecordGateShown(prefs, packageName, timestampMillis))
    ensures WellTyped(AfterClearGateTimestamp(prefs, packageName))
    ensures WellTyped(AfterClearAllGateTimestamps(prefs))
  {
    FixedKeysAreNotGateKeys();
    var key := LastGateKey(packageName);
    assert IsGateKey(key);
  }

  // ---------------------------------------------------------------------------
  // The data source
  // ---------------------------------------------------------------------------

  class UserPreferencesDataSource {
    /** The store's contents. */
    var prefs: Prefs

    constructor(initial: Prefs)
      ensures prefs == initial
    {
      prefs := initial;
    }

    method SetPackageBlocked(packageName: string, blocked: bool)
      modifies this
      ensures prefs == AfterSetPackageBlocked(old(prefs), packageName, blocked)
    {
      var current := BlockedPackages(prefs);
      var updated := if blocked then current + {packageName} else current - {packageName};
      prefs := prefs[BLOCKED_PACKAGES_KEY := StringSetValue(updated)];
    }

    method SetBlockedPackages(packageNames: set<string>)
      modifies this
      ensures prefs == AfterSetBlockedPackages(old(prefs), packageNames)
    {
      prefs := prefs[BLOCKED_PACKAGES_KEY := StringSetValue(packageNames)];
    }

    method SetGlobalCooldownMinutes(minutes: int)
      modifies this
      ensures prefs == AfterSetGlobalCooldownMinutes(old(prefs), minutes)
    {
      prefs := prefs[COOLDOWN_MINUTES_KEY := IntValue(minutes)];
    }

    method SetOnboardingCompleted(completed: bool)
      modifies this
      ensures prefs == AfterSetOnboardingCompleted(old(prefs), completed)
    {
      prefs := prefs[ONBOARDING_COMPLETED_KEY := BoolValue(completed)];
    }

    method RecordGateShown(packageName: string, timestampMillis: int)
      modifies this
      ensures prefs == AfterRecordGateShown(old(prefs), packageName, timestampMillis)
    {
      prefs := prefs[LastGateKey(packageName) := LongValue(timestampMillis)];
    }

    method ClearGateTimestamp(packageName: string)
      modifies this
      ensures prefs == AfterClearGateTimestamp(old(prefs), packageName)
    {
      prefs := prefs - {LastGateKey(packageName)};
    }

    /** Collects the prefixed keys, then removes them one at a time. */
    method ClearAllGateTimestamps()
      modifies this
      ensures prefs == AfterClearAllGateTimestamps(old(prefs))
    {
      ghost var before := prefs;
      var keysToRemove := set k | k in prefs && IsGateKey(k);
      var remaining := keysToRemove;
      while remaining != {}
        invariant remaining <= keysToRemove
        invariant prefs.Keys == before.Keys - (keysToRemove - remaining)
        invariant forall k | k in prefs :: prefs[k] == before[k]
        decreases |remaining|
      {
        var key :| key in remaining;
        prefs := prefs - {key};
        remaining := remaining - {key};
      }
      var expected := AfterClearAllGateTimestamps(before);
      forall k
        ensures k in prefs <==> k in expected
      {
        assert k in keysToRemove <==> k in before && IsGateKey(k);
      }
      assert prefs.Keys == expected.Keys;
    }
  }
}
