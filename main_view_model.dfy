/**
 * The home screen's view model: the list of launchable apps with a blocked flag each,
 * sorted blocked-first and then by lower-cased label; the permission cards; the cooldown
 * shown; and the two user actions that it hands on to the blocked-apps repository.
 */
module Home {
  import opened Text
  import Preferences

  datatype AppInfo = AppInfo(packageName: string, appLabel: string)

  datatype AppListItem = AppListItem(packageName: string, appLabel: string, isBlocked: bool)

  datatype PermissionType = OVERLAY | ACCESSIBILITY | USAGE_ACCESS

  datatype PermissionStatus = PermissionStatus(permissionType: PermissionType, granted: bool)

  datatype PermissionItem = PermissionItem(permissionType: PermissionType, title: string, description: string, granted: bool)

  datatype MainUiState = MainUiState(
    permissions: seq<PermissionItem> := [],
    apps: seq<AppListItem> := [],
    isLoadingApps: bool := true,
    selectedAppCount: nat := 0,
    cooldownMinutes: int := 15)

  /** A call the view model hands on to the blocked-apps repository. */
  datatype RepositoryCall =
    | SetPackageBlocked(packageName: string, blocked: bool)
    | SetGlobalCooldownMinutes(minutes: int)

  // ---------------------------------------------------------------------------
  // The ordering of the app list
  // ---------------------------------------------------------------------------

  /** `String.compareTo(...) <= 0`: character by character, a proper prefix first. */
  predicate LexLessOrEqual(a: string, b: string)
    decreases |a|
  {
    if |a| == 0 then true
    else if |b| == 0 then false
    else if a[0] != b[0] then a[0] < b[0]
    else LexLessOrEqual(a[1..], b[1..])
  }

  lemma {:induction false} LexTotal(a: string, b: string)
    ensures LexLessOrEqual(a, b) || LexLessOrEqual(b, a)
    decreases |a|
  {
    if |a| != 0 && |b| != 0 && a[0] == b[0] {
      LexTotal(a[1..], b[1..]);
    }
  }

  lemma {:induction false} LexTransitive(a: string, b: string, c: string)
    requires LexLessOrEqual(a, b) && LexLessOrEqual(b, c)
    ensures LexLessOrEqual(a, c)
    decreases |a|
  {
    if |a| != 0 && |b| != 0 && |c| != 0 && a[0] == b[0] && b[0] == c[0] {
      LexTransitive(a[1..], b[1..], c[1..]);
    }
  }

  lemma {:induction false} LexAntisymmetric(a: string, b: string)
    requires LexLessOrEqual(a, b) && LexLessOrEqual(b, a)
    ensures a == b
    decreases |a|
  {
    if |a| != 0 {
      LexAntisymmetric(a[1..], b[1..]);
      assert a == [a[0]] + a[1..];
      assert b == [b[0]] + b[1..];
    }
  }

  /**
   * `compareByDescending { isBlocked }.thenBy { label.lowercase() }` says `x` may come
   * before `y`: blocked rows first, and among rows with the same flag the lower-cased
   * labels in order.
   */
  predicate NotAfter(x: AppListItem, y: AppListItem) {
    if x.isBlocked != y.isBlocked then x.isBlocked
    else LexLessOrEqual(LowerString(x.appLabel), LowerString(y.appLabel))
  }

  /** The comparator is a total preorder, so a sorted order exists for every list. */
  lemma NotAfterIsTotalPreorder(x: AppListItem, y: AppListItem, z: AppListItem)
    ensures NotAfter(x, x)
    ensures NotAfter(x, y) || NotAfter(y, x)
    ensures NotAfter(x, y) && NotAfter(y, z) ==> NotAfter(x, z)
  {
    LexTotal(LowerString(x.appLabel), LowerString(x.appLabel));
    LexTotal(LowerString(x.appLabel), LowerString(y.appLabel));
    if NotAfter(x, y) && NotAfter(y, z) && x.isBlocked == y.isBlocked && y.isBlocked == z.isBlocked {
      LexTransitive(LowerString(x.appLabel), LowerString(y.appLabel), LowerString(z.appLabel));
    }
  }

  ghost predicate Sorted(xs: seq<AppListItem>) {
    forall i, j | 0 <= i < j < |xs| :: NotAfter(xs[i], xs[j])
  }

  /** Inserts `x` in front of the first element it may precede. */
  function Insert(x: AppListItem, ys: seq<AppListItem>): seq<AppListItem> {
    if ys == [] then [x]
    else if NotAfter(x, ys[0]) then [x] + ys
    else [ys[0]] + Insert(x, ys[1..])
  }

  /** `sortedWith(comparator)`, as an insertion sort. */
  function SortApps(xs: seq<AppListItem>): seq<AppListItem> {
    if xs == [] then [] else Insert(xs[0], SortApps(xs[1..]))
  }

  lemma {:induction false} InsertPermutes(x: AppListItem, ys: seq<AppListItem>)
    ensures multiset(Insert(x, ys)) == multiset(ys) + multiset{x}
  {
    if ys != [] && !NotAfter(x, ys[0]) {
      InsertPermutes(x, ys[1..]);
      assert ys == [ys[0]] + ys[1..];
    }
  }

  lemma {:induction false} InsertSorted(x: AppListItem, ys: seq<AppListItem>)
    requires Sorted(ys)
    ensures Sorted(Insert(x, ys))
  {
    if ys == [] {
    } else if NotAfter(x, ys[0]) {
      var r := Insert(x, ys);
      forall i, j | 0 <= i < j < |r|
        ensures NotAfter(r[i], r[j])
      {
        if i == 0 {
          NotAfterIsTotalPreorder(x, ys[0], r[j]);
        }
      }
    } else {
      var rest := Insert(x, ys[1..]);
      InsertSorted(x, ys[1..]);
      InsertPermutes(x, ys[1..]);
      NotAfterIsTotalPreorder(x, ys[0], x);
      var r := Insert(x, ys);
      assert r == [ys[0]] + rest;
      forall j | 0 < j < |r|
        ensures NotAfter(ys[0], r[j])
      {
        assert r[j] == rest[j - 1];
        assert rest[j - 1] in multiset(rest);
        assert r[j] in multiset(ys[1..]) + multiset{x};
        if r[j] != x {
          assert r[j] in multiset(ys[1..]);
          var k :| 0 <= k < |ys[1..]| && ys[1..][k] == r[j];
          assert ys[k + 1] == r[j];
        }
      }
    }
  }

  /** The sort returns a sorted permutation of its input. */
  lemma {:induction false} SortAppsCorrect(xs: seq<AppListItem>)
    ensures Sorted(SortApps(xs))
    ensures multiset(SortApps(xs)) == multiset(xs)
  {
    if xs != [] {
      SortAppsCorrect(xs[1..]);
      InsertSorted(xs[0], SortApps(xs[1..]));
      InsertPermutes(xs[0], SortApps(xs[1..]));
      assert xs == [xs[0]] + xs[1..];
    }
  }

  /** Rows the comparator ties with `e`: neither may be placed after the other. */
  predicate Tied(x: AppListItem, e: AppListItem) {
    NotAfter(x, e) && NotAfter(e, x)
  }

  /** Two rows tie exactly when they have the same flag and the same lower-cased label. */
  lemma TiedMeansSameKey(x: AppListItem, e: AppListItem)
    ensures Tied(x, e) <==> x.isBlocked == e.isBlocked && LowerString(x.appLabel) == LowerString(e.appLabel)
  {
    if Tied(x, e) {
      LexAntisymmetric(LowerString(x.appLabel), LowerString(e.appLabel));
    }
    NotAfterIsTotalPreorder(x, x, x);
  }

  /** The rows of `xs` tied with `e`, in their order in `xs`. */
  function TiedWith(xs: seq<AppListItem>, e: AppListItem): seq<AppListItem> {
    if xs == [] then []
    else (if Tied(xs[0], e) then [xs[0]] else []) + TiedWith(xs[1..], e)
  }

  lemma {:induction false} InsertStable(x: AppListItem, ys: seq<AppListItem>, e: AppListItem)
    ensures TiedWith(Insert(x, ys), e) == (if Tied(x, e) then [x] else []) + TiedWith(ys, e)
  {
    if ys == [] {
    } else if NotAfter(x, ys[0]) {
      assert Insert(x, ys)[1..] == ys;
    } else {
      InsertStable(x, ys[1..], e);
      NotAfterIsTotalPreorder(x, e, ys[0]);
      assert Insert(x, ys)[1..] == Insert(x, ys[1..]);
    }
  }

  /** The sort is stable: rows that tie keep their input order. */
  lemma {:induction false} SortAppsStable(xs: seq<AppListItem>, e: AppListItem)
    ensures TiedWith(SortApps(xs), e) == TiedWith(xs, e)
  {
    if xs != [] {
      SortAppsStable(xs[1..], e);
      InsertStable(xs[0], SortApps(xs[1..]), e);
    }
  }

  // ---------------------------------------------------------------------------
  // updateAppList
  // ---------------------------------------------------------------------------

  /** The mapping step: one row per cached app, flagged when its package is blocked. */
  function MappedApps(cachedApps: seq<AppInfo>, blocked: set<string>): (r: seq<AppListItem>)
    ensures |r| == |cachedApps|
    ensures forall i | 0 <= i < |r| ::
              r[i] == AppListItem(cachedApps[i].packageName, cachedApps[i].appLabel, cachedApps[i].packageName in blocked)
  {
    if cachedApps == [] then []
    else [AppListItem(cachedApps[0].packageName, cachedApps[0].appLabel, cachedApps[0].packageName in blocked)]
         + MappedApps(cachedApps[1..], blocked)
  }

  /** The list `updateAppList` publishes. */
  function AppList(cachedApps: seq<AppInfo>, blocked: set<string>): seq<AppListItem> {
    SortApps(MappedApps(cachedApps, blocked))
  }

  /**
   * The published list has one row per cached app and no other rows, each flagged blocked
   * exactly when its package is in the blocked set, in the comparator's order, so the
   * blocked rows come first.
   */
  lemma {:induction false} AppListCorrect(cachedApps: seq<AppInfo>, blocked: set<string>)
    ensures var r := AppList(cachedApps, blocked);
            |r| == |cachedApps|
            && multiset(r) == multiset(MappedApps(cachedApps, blocked))
            && Sorted(r)
            && (forall i | 0 <= i < |r| :: r[i].isBlocked <==> r[i].packageName in blocked)
            && (forall i, j | 0 <= i < j < |r| :: r[j].isBlocked ==> r[i].isBlocked)
            && (forall a | a in cachedApps :: AppListItem(a.packageName, a.appLabel, a.packageName in blocked) in r)
            && (forall i | 0 <= i < |r| :: AppInfo(r[i].packageName, r[i].appLabel) in cachedApps)
  {
    var m := MappedApps(cachedApps, blocked);
    var r := AppList(cachedApps, blocked);
    SortAppsCorrect(m);
    assert |r| == |multiset(r)| == |multiset(m)| == |m|;
    forall i | 0 <= i < |r|
      ensures (r[i].isBlocked <==> r[i].packageName in blocked)
      ensures AppInfo(r[i].packageName, r[i].appLabel) in cachedApps
    {
      assert r[i] in multiset(m);
      var k :| 0 <= k < |m| && m[k] == r[i];
      assert AppInfo(r[i].packageName, r[i].appLabel) == cachedApps[k];
    }
    forall a | a in cachedApps
      ensures AppListItem(a.packageName, a.appLabel, a.packageName in blocked) in r
    {
      var k :| 0 <= k < |cachedApps| && cachedApps[k] == a;
      assert m[k] in multiset(r);
    }
  }

  // ---------------------------------------------------------------------------
  // buildPermissionItems
  // ---------------------------------------------------------------------------

  function PermissionTitle(t: PermissionType): string {
    match t
    case OVERLAY => "Draw over other apps"
    case ACCESSIBILITY => "Accessibility service"
    case USAGE_ACCESS => "Usage access"
  }

  function PermissionDescription(t: PermissionType): string {
    match t
    case OVERLAY => "Needed to show the Toki checkpoint over blocked apps."
    case ACCESSIBILITY => "Lets Toki notice when you open a blocked app."
    case USAGE_ACCESS => "Helps Toki track last opened times for cooldowns."
  }

  function BuildPermissionItems(statuses: seq<PermissionStatus>): seq<PermissionItem> {
    if statuses == [] then []
    else [PermissionItem(statuses[0].permissionType, PermissionTitle(statuses[0].permissionType),
                         PermissionDescription(statuses[0].permissionType), statuses[0].granted)]
         + BuildPermissionItems(statuses[1..])
  }

  /**
   * One card per status, in the same order, carrying the status's type and grant and the
   * text of that type.
   */
  lemma {:induction false} PermissionItemsFollowStatuses(statuses: seq<PermissionStatus>)
    ensures var r := BuildPermissionItems(statuses);
            |r| == |statuses|
            && forall i | 0 <= i < |r| ::
                 r[i].permissionType == statuses[i].permissionType
                 && r[i].granted == statuses[i].granted
                 && r[i].title == PermissionTitle(statuses[i].permissionType)
                 && r[i].description == PermissionDescription(statuses[i].permissionType)
  {
    if statuses != [] {
      PermissionItemsFollowStatuses(statuses[1..]);
    }
  }

  /** The three cards have three different titles. */
  lemma PermissionTitlesDistinct(s: PermissionType, t: PermissionType)
    ensures PermissionTitle(s) == PermissionTitle(t) <==> s == t
  {
    var o, a, u := PermissionTitle(OVERLAY), PermissionTitle(ACCESSIBILITY), PermissionTitle(USAGE_ACCESS);
    assert o == "Draw over other apps";
    assert a == "Accessibility service";
    assert u == "Usage access";
    assert o[0] == 'D' && a[0] == 'A' && u[0] == 'U';
  }

  // ---------------------------------------------------------------------------
  // The view model as values
  // ---------------------------------------------------------------------------

  /** The view model's state: the ui state, its two private fields, and the calls handed on. */
  datatype HomeState = HomeState(ui: MainUiState, cachedApps: seq<AppInfo>, latestBlockedPackages: set<string>,
                                 calls: seq<RepositoryCall>)

  function InitialState(statuses: seq<PermissionStatus>): HomeState {
    HomeState(MainUiState(permissions := BuildPermissionItems(statuses)), [], {}, [])
  }

  function AfterUpdateAppList(s: HomeState): HomeState {
    s.(ui := s.ui.(apps := AppList(s.cachedApps, s.latestBlockedPackages),
                   isLoadingApps := false,
                   selectedAppCount := |s.latestBlockedPackages|))
  }

  /** The blocked-packages collector. */
  function AfterBlockedPackages(s: HomeState, packages: set<string>): HomeState {
    AfterUpdateAppList(s.(latestBlockedPackages := packages))
  }

  /** The cooldown collector. */
  function AfterCooldown(s: HomeState, minutes: int): HomeState {
    s.(ui := s.ui.(cooldownMinutes := minutes))
  }

  /** `loadApps`, with the query's answer as a parameter. */
  function AfterLoadApps(s: HomeState, launchableApps: seq<AppInfo>): HomeState {
    AfterUpdateAppList(s.(ui := s.ui.(isLoadingApps := true), cachedApps := launchableApps))
  }

  function AfterRefreshPermissions(s: HomeState, statuses: seq<PermissionStatus>): HomeState {
    s.(ui := s.ui.(permissions := BuildPermissionItems(statuses)))
  }

  function AfterToggleApp(s: HomeState, packageName: string, blocked: bool): HomeState {
    s.(calls := s.calls + [SetPackageBlocked(packageName, blocked)])
  }

  function AfterSetGlobalCooldown(s: HomeState, minutes: int): HomeState {
    s.(calls := s.calls + [SetGlobalCooldownMinutes(minutes)])
  }

  /** What a repository call does to the preference store (the repository delegates one to one). */
  function ApplyCall(prefs: Preferences.Prefs, call: RepositoryCall): Preferences.Prefs {
    match call
    case SetPackageBlocked(p, b) => Preferences.AfterSetPackageBlocked(prefs, p, b)
    case SetGlobalCooldownMinutes(m) => Preferences.AfterSetGlobalCooldownMinutes(prefs, m)
  }

  // ---------------------------------------------------------------------------
  // Properties of the view model
  // ---------------------------------------------------------------------------

  /**
   * After an update the list is the sorted mapping of the cached apps, loading is over, and
   * the count is the size of the blocked set, whatever rows exist; nothing else changes.
   */
  lemma UpdateAppListPublishes(s: HomeState)
    ensures var t := AfterUpdateAppList(s);
            t.ui.apps == AppList(s.cachedApps, s.latestBlockedPackages)
            && !t.ui.isLoadingApps
            && t.ui.selectedAppCount == |s.latestBlockedPackages|
            && t.ui.permissions == s.ui.permissions
            && t.ui.cooldownMinutes == s.ui.cooldownMinutes
            && t.cachedApps == s.cachedApps && t.calls == s.calls
  {
  }

  /** The count of selected apps can exceed the number of rows flagged blocked. */
  lemma SelectedCountCanExceedBlockedRows()
    ensures var t := AfterBlockedPackages(InitialState([]), {"com.example.uninstalled"});
            t.ui.selectedAppCount == 1 && |t.ui.apps| == 0
  {
    var t := AfterBlockedPackages(InitialState([]), {"com.example.uninstalled"});
    assert MappedApps([], {"com.example.uninstalled"}) == [];
    assert t.ui.apps == SortApps([]);
  }

  /** The two actions append exactly their arguments to the calls handed on, and change nothing else. */
  lemma ActionsPassArgumentsThrough(s: HomeState, packageName: string, blocked: bool, minutes: int)
    ensures var t := AfterToggleApp(s, packageName, blocked);
            t.calls == s.calls + [SetPackageBlocked(packageName, blocked)]
            && t.ui == s.ui && t.cachedApps == s.cachedApps && t.latestBlockedPackages == s.latestBlockedPackages
    ensures var t := AfterSetGlobalCooldown(s, minutes);
            t.calls == s.calls + [SetGlobalCooldownMinutes(minutes)]
            && t.ui == s.ui && t.cachedApps == s.cachedApps && t.latestBlockedPackages == s.latestBlockedPackages
  {
  }

  /**
   * Toggling an app, once the store has applied the call and the blocked-packages flow has
   * delivered the new set, shows that app's row with the chosen flag, and every other
   * row as before.
   */
  lemma {:induction false} ToggleShowsInList(s: HomeState, prefs: Preferences.Prefs, packageName: string, blocked: bool)
    requires s.latestBlockedPackages == Preferences.BlockedPackages(prefs)
    ensures var t := AfterToggleApp(s, packageName, blocked);
            var prefs' := ApplyCall(prefs, t.calls[|t.calls| - 1]);
            var u := AfterBlockedPackages(t, Preferences.BlockedPackages(prefs'));
            forall i | 0 <= i < |u.ui.apps| ::
              (u.ui.apps[i].packageName == packageName ==> u.ui.apps[i].isBlocked == blocked)
              && (u.ui.apps[i].packageName != packageName ==>
                    (u.ui.apps[i].isBlocked <==> u.ui.apps[i].packageName in s.latestBlockedPackages))
  {
    var t := AfterToggleApp(s, packageName, blocked);
    var prefs' := ApplyCall(prefs, t.calls[|t.calls| - 1]);
    Preferences.SetPackageBlockedUpdatesSet(prefs, packageName, blocked);
    AppListCorrect(t.cachedApps, Preferences.BlockedPackages(prefs'));
  }

  // ---------------------------------------------------------------------------
  // The view model
  // ---------------------------------------------------------------------------

  class MainViewModel {
    var uiState: MainUiState
    var cachedApps: seq<AppInfo>
    var latestBlockedPackages: set<string>
    /** The calls launched on the blocked-apps repository, oldest first. */
    var calls: seq<RepositoryCall>

    function State(): HomeState
      reads this
    {
      HomeState(uiState, cachedApps, latestBlockedPackages, calls)
    }

    /** The synchronous part of `init`: the first `refreshPermissions`. */
    constructor(statuses: seq<PermissionStatus>)
      ensures State() == InitialState(statuses)
    {
      uiState := MainUiState(permissions := BuildPermissionItems(statuses));
      cachedApps := [];
      latestBlockedPackages := {};
      calls := [];
    }

    method RefreshPermissions(statuses: seq<PermissionStatus>)
      modifies this
      ensures State() == AfterRefreshPermissions(old(State()), statuses)
    {
      uiState := uiState.(permissions := BuildPermissionItems(statuses));
    }

    method ToggleApp(packageName: string, blocked: bool)
      modifies this
      ensures State() == AfterToggleApp(old(State()), packageName, blocked)
    {
      calls := calls + [SetPackageBlocked(packageName, blocked)];
    }

    method SetGlobalCooldown(minutes: int)
      modifies this
      ensures State() == AfterSetGlobalCooldown(old(State()), minutes)
    {
      calls := calls + [SetGlobalCooldownMinutes(minutes)];
    }

    method OnBlockedPackages(packages: set<string>)
      modifies this
      ensures State() == AfterBlockedPackages(old(State()), packages)
    {
      latestBlockedPackages := packages;
      UpdateAppList();
    }

    method OnCooldownMinutes(minutes: int)
      modifies this
      ensures State() == AfterCooldown(old(State()), minutes)
    {
      uiState := uiState.(cooldownMinutes := minutes);
    }

    method LoadApps(launchableApps: seq<AppInfo>)
      modifies this
      ensures State() == AfterLoadApps(old(State()), launchableApps)
    {
      uiState := uiState.(isLoadingApps := true);
      cachedApps := launchableApps;
      UpdateAppList();
    }

    method UpdateAppList()
      modifies this
      ensures State() == AfterUpdateAppList(old(State()))
    {
      var apps := SortApps(MappedApps(cachedApps, latestBlockedPackages));
      uiState := uiState.(apps := apps, isLoadingApps := false, selectedAppCount := |latestBlockedPackages|);
    }
  }
}
