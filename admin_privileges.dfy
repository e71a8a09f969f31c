/**
 * The admin privilege domain of the forum: its fixed privilege lists, the
 * tables that map admin page routes and socket calls to a privilege, the
 * resolution of a route to its privilege, and the evaluation of a user's
 * admin privileges (`src/privileges/admin.js`).
 *
 * Collaborators are parameters: `granted(privilege, cid)` answers
 * `helpers.isUserAllowedTo` for the user in question, `isAdministrator`
 * answers `user.isAdministrator`, and plugin filter hooks are functions.
 */
module AdminPrivileges {
  import opened Lists
  import opened Decimal

  // ---------------------------------------------------------------------
  // Privilege lists

  datatype Label = Label(name: string)

  const PrivilegeLabels: seq<Label> := [
    Label("[[admin/manage/privileges:admin-dashboard]]"),
    Label("[[admin/manage/privileges:admin-categories]]"),
    Label("[[admin/manage/privileges:admin-settings]]")
  ]

  const UserPrivilegeList: seq<string> := ["admin:dashboard", "admin:categories", "admin:settings"]

  const GroupPrefix: string := "groups:"

  /** `list.map(privilege => prefix + privilege)`. */
  function PrefixAll(prefix: string, list: seq<string>): (r: seq<string>)
    ensures |r| == |list|
    ensures forall i :: 0 <= i < |list| ==> r[i] == prefix + list[i]
  {
    if list == [] then [] else [prefix + list[0]] + PrefixAll(prefix, list[1..])
  }

  const GroupPrivilegeList: seq<string> := PrefixAll(GroupPrefix, UserPrivilegeList)

  /**
   * The group privileges are the user privileges with the `groups:` prefix,
   * in the same order, and no name is in both lists.
   */
  lemma GroupPrivilegesInLockStep()
    ensures |GroupPrivilegeList| == |UserPrivilegeList| == |PrivilegeLabels|
    ensures forall i :: 0 <= i < |UserPrivilegeList| ==>
      GroupPrivilegeList[i] == GroupPrefix + UserPrivilegeList[i]
    ensures forall p :: p in GroupPrivilegeList ==> p !in UserPrivilegeList
  {
    forall p | p in GroupPrivilegeList ensures p !in UserPrivilegeList {
      var i :| 0 <= i < |GroupPrivilegeList| && GroupPrivilegeList[i] == p;
      assert p[0] == 'g';
    }
  }

  // ---------------------------------------------------------------------
  // Route and socket tables

  /** Admin page routes looked up verbatim. */
  const RouteMap: map<string, string> := map[
    "dashboard" := "admin:dashboard",
    "manage/categories" := "admin:categories",
    "extend/plugins" := "admin:settings",
    "extend/widgets" := "admin:settings",
    "extend/rewards" := "admin:settings"
  ]

  /** The four regular expressions of the route table, as hand-written matchers. */
  datatype RoutePattern =
    | CategoryDetail   // ^manage/categories/\d+
    | SettingsPage     // ^settings/[\w\-]+$
    | AppearancePage   // ^appearance/[\w]+$
    | PluginsPage      // ^plugins/[\w\-]+$

  /** `^prefix[class]+$`: the prefix, then one or more characters of the class up to the end. */
  predicate PrefixThenRun(prefix: string, path: string, hyphen: bool) {
    |path| > |prefix| && path[..|prefix|] == prefix &&
    forall i :: |prefix| <= i < |path| ==> IsWordChar(path[i]) || (hyphen && path[i] == '-')
  }

  const CategoriesPrefix: string := "manage/categories/"

  predicate Matches(pattern: RoutePattern, path: string) {
    match pattern
    case CategoryDetail =>
      // no `$`: anything may follow the first digit
      |path| > |CategoriesPrefix| && path[..|CategoriesPrefix|] == CategoriesPrefix &&
      IsDigit(path[|CategoriesPrefix|])
    case SettingsPage => PrefixThenRun("settings/", path, true)
    case AppearancePage => PrefixThenRun("appearance/", path, false)
    case PluginsPage => PrefixThenRun("plugins/", path, true)
  }

  /** The regular-expression table in its key enumeration order. */
  const RouteRegexpMap: seq<(RoutePattern, string)> := [
    (CategoryDetail, "admin:categories"),
    (SettingsPage, "admin:settings"),
    (AppearancePage, "admin:settings"),
    (PluginsPage, "admin:settings")
  ]

  /** Socket method names and the admin privilege each one needs. */
  const SocketMap: map<string, string> := map[
    "admin.rooms.getAll" := "admin:dashboard",
    "admin.analytics.get" := "admin:dashboard",
    "admin.categories.getAll" := "admin:categories",
    "admin.categories.create" := "admin:categories",
    "admin.categories.update" := "admin:categories",
    "admin.categories.purge" := "admin:categories",
    "admin.categories.copySettingsFrom" := "admin:categories",
    "admin.getSearchDict" := "admin:settings",
    "admin.config.setMultiple" := "admin:settings",
    "admin.config.remove" := "admin:settings",
    "admin.themes.getInstalled" := "admin:settings",
    "admin.themes.set" := "admin:settings",
    "admin.reloadAllSessions" := "admin:settings",
    "admin.settings.get" := "admin:settings"
  ]

  /** Every privilege a socket call can demand is a listed user privilege. */
  lemma SocketMapPrivilegesListed()
    ensures forall m :: m in SocketMap ==> SocketMap[m] in UserPrivilegeList
  {
  }

  // ---------------------------------------------------------------------
  // Route resolution

  /** The privilege that gates the admin landing page; it is not in the list. */
  const DashboardSentinel: string := "manage:dashboard"

  /** The privilege of the first rule, in order, whose pattern matches. */
  function FirstMatch(rules: seq<(RoutePattern, string)>, path: string): Option<string> {
    if rules == [] then None
    else if Matches(rules[0].0, path) then Some(rules[0].1)
    else FirstMatch(rules[1..], path)
  }

  /** What `resolve(path)` returns; `None` is `undefined`. */
  function Resolution(path: string): Option<string> {
    if path in RouteMap then Some(RouteMap[path])
    else if path == "" then Some(DashboardSentinel)
    else FirstMatch(RouteRegexpMap, path)
  }

  /** Rule i matches and no earlier rule does. */
  predicate IsFirstMatch(rules: seq<(RoutePattern, string)>, path: string, i: int) {
    0 <= i < |rules| && Matches(rules[i].0, path) &&
    forall j :: 0 <= j < i ==> !Matches(rules[j].0, path)
  }

  /** FirstMatch answers with the privilege of the first matching rule, and only when one matches. */
  lemma {:induction false} FirstMatchIsFirst(rules: seq<(RoutePattern, string)>, path: string)
    ensures FirstMatch(rules, path).None? <==> forall i :: 0 <= i < |rules| ==> !Matches(rules[i].0, path)
    ensures forall i :: IsFirstMatch(rules, path, i) ==> FirstMatch(rules, path) == Some(rules[i].1)
  {
    if rules != [] {
      FirstMatchIsFirst(rules[1..], path);
      forall i | IsFirstMatch(rules, path, i) ensures FirstMatch(rules, path) == Some(rules[i].1) {
        if i > 0 {
          assert IsFirstMatch(rules[1..], path, i - 1);
        }
      }
      if !Matches(rules[0].0, path) {
        forall i | 0 <= i < |rules[1..]| && Matches(rules[1..][i].0, path)
          ensures exists k :: 0 <= k < |rules| && Matches(rules[k].0, path)
        {
          assert Matches(rules[i + 1].0, path);
        }
      }
    }
  }

  /**
   * `resolve(path)`: a verbatim route wins, then the empty path resolves
   * to the dashboard sentinel, then the first matching pattern in table
   * order; otherwise `None` (undefined).
   */
  method Resolve(path: string) returns (privilege: Option<string>)
    ensures privilege == Resolution(path)
    ensures path in RouteMap ==> privilege == Some(RouteMap[path])
    ensures path !in RouteMap && path != "" ==>
      (privilege.None? <==> forall i :: 0 <= i < |RouteRegexpMap| ==> !Matches(RouteRegexpMap[i].0, path))
    ensures path !in RouteMap && path != "" ==>
      forall i :: IsFirstMatch(RouteRegexpMap, path, i) ==> privilege == Some(RouteRegexpMap[i].1)
  {
    if path in RouteMap {
      return Some(RouteMap[path]);
    } else if path == "" {
      return Some(DashboardSentinel);
    }
    privilege := None;
    for i := 0 to |RouteRegexpMap|
      invariant privilege.None? <==> forall j :: 0 <= j < i ==> !Matches(RouteRegexpMap[j].0, path)
      invariant privilege.Some? ==> exists j :: IsFirstMatch(RouteRegexpMap, path, j) && privilege == Some(RouteRegexpMap[j].1)
    {
      if privilege.None? {
        if Matches(RouteRegexpMap[i].0, path) {
          privilege := Some(RouteRegexpMap[i].1);
          assert IsFirstMatch(RouteRegexpMap, path, i);
        }
      }
    }
    FirstMatchIsFirst(RouteRegexpMap, path);
  }

  /** Routes that resolve: verbatim, the landing page, and two patterns. */
  lemma ResolveExamples()
    ensures Resolution("dashboard") == Some("admin:dashboard")
    ensures Resolution("") == Some(DashboardSentinel)
    ensures Resolution("manage/categories/42") == Some("admin:categories")
    ensures Resolution("settings/general") == Some("admin:settings")
  {
    assert "manage/categories/42"[..|CategoriesPrefix|] == CategoriesPrefix;
    assert "settings/general"[..9] == "settings/";
    assert !Matches(CategoryDetail, "settings/general") by {
      assert |"settings/general"| < |CategoriesPrefix| + 1;
    }
  }

  /** Routes that resolve to nothing: `$` rejects a second slash, and an unknown section. */
  lemma ResolveMisses()
    ensures Resolution("settings/a/b") == None
    ensures Resolution("unknown/path") == None
  {
    var nested, unknown := "settings/a/b", "unknown/path";
    assert !Matches(CategoryDetail, nested) by { assert nested[0] != CategoriesPrefix[0]; }
    assert !Matches(SettingsPage, nested) by { assert !IsWordChar(nested[10]) && nested[10] != '-'; }
    assert !Matches(AppearancePage, nested) by { assert nested[0] != "appearance/"[0]; }
    assert !Matches(PluginsPage, nested) by { assert nested[0] != "plugins/"[0]; }
    assert !Matches(CategoryDetail, unknown) by { assert unknown[0] != CategoriesPrefix[0]; }
    assert !Matches(SettingsPage, unknown) by { assert unknown[0] != "settings/"[0]; }
    assert !Matches(AppearancePage, unknown) by { assert unknown[0] != "appearance/"[0]; }
    assert !Matches(PluginsPage, unknown) by { assert unknown[0] != "plugins/"[0]; }
  }

  /**
   * Every privilege a non-empty path resolves to is one of the listed user
   * privileges; the empty path's sentinel is not in the list.
   */
  lemma ResolvedPrivilegeIsListed(path: string)
    ensures path != "" && Resolution(path).Some? ==> Resolution(path).value in UserPrivilegeList
    ensures Resolution("") == Some(DashboardSentinel) && DashboardSentinel !in UserPrivilegeList
  {
    if path != "" && path !in RouteMap && Resolution(path).Some? {
      FirstMatchIsFirst(RouteRegexpMap, path);
    }
  }

  // ---------------------------------------------------------------------
  // Privilege evaluation

  /** `helpers.isUserAllowedTo(privilegeList, uid, cid)`: one answer per privilege. */
  function AllowedPerPrivilege(granted: (string, int) -> bool, privileges: seq<string>, cid: int): (r: seq<bool>)
    ensures |r| == |privileges|
    ensures forall i :: 0 <= i < |privileges| ==> r[i] == granted(privileges[i], cid)
  {
    seq(|privileges|, i requires 0 <= i < |privileges| => granted(privileges[i], cid))
  }

  /** `helpers.isUserAllowedTo(privilege, uid, cids)`: one answer per cid. */
  function AllowedPerCid(granted: (string, int) -> bool, privilege: string, cids: seq<int>): (r: seq<bool>)
    ensures |r| == |cids|
    ensures forall i :: 0 <= i < |cids| ==> r[i] == granted(privilege, cids[i])
  {
    seq(|cids|, i requires 0 <= i < |cids| => granted(privilege, cids[i]))
  }

  /** `_.zipObject(keys, values)`: a later duplicate key overwrites an earlier one. */
  function ZipObject<V>(keys: seq<string>, values: seq<V>): (r: map<string, V>)
    requires |keys| == |values|
    ensures r.Keys == set k | k in keys
    ensures NoDup(keys) ==> forall i :: 0 <= i < |keys| ==> r[keys[i]] == values[i]
  {
    if keys == [] then map[]
    else
      var n := |keys| - 1;
      var prev := ZipObject(keys[..n], values[..n]);
      ZipStep(keys[..n], values[..n], keys[n], values[n], prev);
      assert keys == keys[..n] + [keys[n]] && values == values[..n] + [values[n]];
      prev[keys[n] := values[n]]
  }

  /** One more key and value: the key joins the keys, and it wins over an earlier copy. */
  lemma ZipStep<V>(init: seq<string>, initValues: seq<V>, key: string, value: V, prev: map<string, V>)
    requires |init| == |initValues|
    requires prev.Keys == set k | k in init
    requires NoDup(init) ==> forall i :: 0 <= i < |init| ==> prev[init[i]] == initValues[i]
    ensures var keys := init + [key];
      var r := prev[key := value];
      r.Keys == (set k | k in keys) &&
      (NoDup(keys) ==> forall i :: 0 <= i < |keys| ==> r[keys[i]] == (initValues + [value])[i])
  {
    var keys := init + [key];
    assert forall k :: k in keys <==> k in init || k == key;
    if NoDup(keys) {
      assert forall i :: 0 <= i < |init| ==> init[i] == keys[i];
      assert NoDup(init);
      forall i | 0 <= i < |init|
        ensures init[i] != key
      {
        assert keys[i] != keys[|init|];
      }
    }
  }

  const SuperadminKey: string := "superadmin"

  /** The object `get(uid)` builds before the `filter:privileges.admin.get` hook. */
  function PrivData(granted: (string, int) -> bool, isAdministrator: bool): map<string, bool> {
    var userPrivileges := AllowedPerPrivilege(granted, UserPrivilegeList, 0);
    var combined := seq(|userPrivileges|, i requires 0 <= i < |userPrivileges| => userPrivileges[i] || isAdministrator);
    ZipObject(UserPrivilegeList, combined)[SuperadminKey := isAdministrator]
  }

  /** `get(uid)`: the privilege object after the filter hook. */
  function Get(granted: (string, int) -> bool, isAdministrator: bool, filterHook: map<string, bool> -> map<string, bool>): map<string, bool> {
    filterHook(PrivData(granted, isAdministrator))
  }

  /**
   * Before the hook, `get(uid)` has exactly the listed privileges plus
   * `superadmin`; each privilege is granted or implied by administrator
   * status, and `superadmin` is the administrator status.
   */
  lemma PrivDataShape(granted: (string, int) -> bool, isAdministrator: bool)
    ensures PrivData(granted, isAdministrator).Keys == (set p | p in UserPrivilegeList) + {SuperadminKey}
    ensures forall p :: p in UserPrivilegeList ==>
      PrivData(granted, isAdministrator)[p] == (granted(p, 0) || isAdministrator)
    ensures PrivData(granted, isAdministrator)[SuperadminKey] == isAdministrator
  {
    var userPrivileges := AllowedPerPrivilege(granted, UserPrivilegeList, 0);
    var combined := seq(|userPrivileges|, i requires 0 <= i < |userPrivileges| => userPrivileges[i] || isAdministrator);
    var zipped := ZipObject(UserPrivilegeList, combined);
    assert NoDup(UserPrivilegeList);
    assert SuperadminKey !in UserPrivilegeList;
    forall p | p in UserPrivilegeList ensures PrivData(granted, isAdministrator)[p] == (granted(p, 0) || isAdministrator) {
      var i :| 0 <= i < |UserPrivilegeList| && UserPrivilegeList[i] == p;
      assert zipped[p] == combined[i];
    }
  }

  /** An administrator holds every admin privilege; a user with no grant holds none. */
  lemma AdministratorAndNobody(granted: (string, int) -> bool, isAdministrator: bool)
    ensures isAdministrator ==> forall k :: k in PrivData(granted, isAdministrator) ==> PrivData(granted, isAdministrator)[k]
    ensures !isAdministrator && (forall p :: !granted(p, 0)) ==>
      forall k :: k in PrivData(granted, isAdministrator) ==> !PrivData(granted, isAdministrator)[k]
  {
    PrivDataShape(granted, isAdministrator);
  }

  /** `can(privilege, uid)`: the first answer of the evaluator for cid 0. */
  function Can(granted: (string, int) -> bool, privilege: string): (allowed: bool)
    ensures allowed == granted(privilege, 0)
  {
    AllowedPerCid(granted, privilege, [0])[0]
  }

  /** `get` and `can` consult the same evaluator: get adds only the administrator override. */
  lemma GetAgreesWithCan(granted: (string, int) -> bool, isAdministrator: bool, p: string)
    requires p in UserPrivilegeList
    ensures PrivData(granted, isAdministrator)[p] == (Can(granted, p) || isAdministrator)
  {
    PrivDataShape(granted, isAdministrator);
  }

  // ---------------------------------------------------------------------
  // Listing

  datatype Labels = Labels(users: seq<Label>, groups: seq<Label>)

  datatype ListPayload<Row> = ListPayload(labels: Labels, users: seq<Row>, groups: seq<Row>, columnCount: int)

  /**
   * `list()`: the labels after their filter hooks, the rows for the user
   * and group privilege lists from the helpers, and the column count for
   * the privilege table.
   */
  function List<Row>(
    usersLabelHook: seq<Label> -> seq<Label>, groupsLabelHook: seq<Label> -> seq<Label>,
    userRows: seq<string> -> seq<Row>, groupRows: seq<string> -> seq<Row>): (payload: ListPayload<Row>)
    ensures payload.columnCount == |payload.labels.users| + 2
  {
    var labels := Labels(usersLabelHook(PrivilegeLabels), groupsLabelHook(PrivilegeLabels));
    ListPayload(labels, userRows(UserPrivilegeList), groupRows(GroupPrivilegeList), |labels.users| + 2)
  }

  /** With hooks that change nothing the table has one column per privilege plus two. */
  lemma ListColumnsWithoutPlugins<Row>(userRows: seq<string> -> seq<Row>, groupRows: seq<string> -> seq<Row>)
    ensures List(l => l, l => l, userRows, groupRows).columnCount == |UserPrivilegeList| + 2 == 5
  {
  }

  // ---------------------------------------------------------------------
  // Giving and rescinding

  /** The `groupName` argument: one name or an array of names. */
  datatype GroupNameArg = OneGroup(name: string) | GroupList(names: seq<string>)

  /** `Array.isArray(groupName) ? groupName : [groupName]`. */
  function GroupNames(arg: GroupNameArg): (names: seq<string>)
    ensures |names| >= 1 || arg.GroupList?
  {
    match arg
    case OneGroup(name) => [name]
    case GroupList(names) => names
  }

  /** Normalising keeps every name and is idempotent: a list passes through unchanged. */
  lemma GroupNamesNormalised(arg: GroupNameArg)
    ensures arg.OneGroup? ==> GroupNames(arg) == [arg.name]
    ensures arg.GroupList? ==> GroupNames(arg) == arg.names
    ensures GroupNames(GroupList(GroupNames(arg))) == GroupNames(arg)
  {
  }

  datatype Membership = Join | Leave

  /** What the hook system and the group store observe. */
  datatype Event =
    | GiveOrRescind(op: Membership, privileges: seq<string>, domain: string, groupName: GroupNameArg)
    | Action(hook: string, privileges: seq<string>, groupNames: seq<string>)

  const GiveHook: string := "action:privileges.admin.give"
  const RescindHook: string := "action:privileges.admin.rescind"

  /**
   * The observable effects of `give` and `rescind`: the call into
   * `helpers.giveOrRescind` and the action hook fired after it.
   */
  class AdminPrivilegeEvents {
    var events: seq<Event>

    constructor ()
      ensures events == []
    {
      events := [];
    }

    /**
     * `give(privileges, groupName)`: joins through the helper; when that
     * succeeds, fires the give action with the names as a list. A failure
     * of the helper is returned and no action is fired.
     */
    method Give(privileges: seq<string>, groupName: GroupNameArg, helperFailure: Option<string>)
      returns (failure: Option<string>)
      modifies this
      ensures failure == helperFailure
      ensures events == old(events) + [GiveOrRescind(Join, privileges, "admin", groupName)] +
        (if helperFailure.None? then [Action(GiveHook, privileges, GroupNames(groupName))] else [])
    {
      events := events + [GiveOrRescind(Join, privileges, "admin", groupName)];
      if helperFailure.Some? {
        return helperFailure;
      }
      events := events + [Action(GiveHook, privileges, GroupNames(groupName))];
      failure := None;
    }

    /** `rescind(privileges, groupName)`: as give, through `groups.leave` and the rescind action. */
    method Rescind(privileges: seq<string>, groupName: GroupNameArg, helperFailure: Option<string>)
      returns (failure: Option<string>)
      modifies this
      ensures failure == helperFailure
      ensures events == old(events) + [GiveOrRescind(Leave, privileges, "admin", groupName)] +
        (if helperFailure.None? then [Action(RescindHook, privileges, GroupNames(groupName))] else [])
    {
      events := events + [GiveOrRescind(Leave, privileges, "admin", groupName)];
      if helperFailure.Some? {
        return helperFailure;
      }
      events := events + [Action(RescindHook, privileges, GroupNames(groupName))];
      failure := None;
    }
  }
}
