/**
 * What an upgrade does to the rest of the charter: it registers the settings record where none is
 * registered, and leaves every manifest entry alone that is not one of its own.
 */
module UpgradeSettings {
  import opened Wrappers
  import opened OrderedMap
  import opened CharterModel
  import opened CharterProtocol
  import opened CharterInvariant
  import opened CharterSafety
  import opened BatchCommit
  import opened Scheduler
  import opened UpgradePlan
  import opened UpgradeSafety

  // ----- what a node leaves alone -----

  /** The node, with what is nested in it, may install or register this key. */
  predicate MayName(env: Env, job: Job, k: string) {
    match job
    case InstallSettings(_) => k == "settings"
    case AddCurrentSettings => k == "currentSettings"
    case SetupRole(role) => k == role.typeName
    case CheckForUpdates =>
      env.autoSetup && exists i :: 0 <= i < |env.roles| && env.roles[i].enabled && env.roles[i].isDataPolicy
                                   && env.roles[i].typeName == k
    case _ => false
  }

  /** The entry under the key is the same, and nothing is pending for it. */
  predicate Leaves(w: World, x: World, k: string) {
    Get(x.st.charter.manifest, k) == Get(w.st.charter.manifest, k) && NoneFor(x.st.charter.pendingChanges, k)
  }

  /** Only seeds from the wallet are spent, and the wallet gets no new ones. */
  ghost predicate SpendsFrom(w: World, x: World) {
    && w.st.spent <= x.st.spent && (forall s <- x.wallet :: s in w.wallet)
    && (forall s <- x.st.spent :: s in w.st.spent || s in w.wallet)
  }

  /** What one node, or some of them in turn, may have done. */
  ghost predicate Quiet(w: World, x: World, k: string, names: bool, records: bool) {
    && (NoneFor(w.st.charter.pendingChanges, k) && !names ==> Leaves(w, x, k))
    && (!records ==> x.settingsRecord == w.settingsRecord)
    && SpendsFrom(w, x)
  }

  lemma QuietReflexive(w: World, k: string, names: bool, records: bool)
    ensures Quiet(w, w, k, names, records)
  {
  }

  lemma QuietTransitive(w: World, x: World, y: World, k: string, names: bool, records: bool)
    requires Quiet(w, x, k, names, records) && Quiet(x, y, k, names, records)
    ensures Quiet(w, y, k, names, records)
  {
  }

  lemma QuietFewer(w: World, x: World, k: string, names: bool, records: bool, names2: bool, records2: bool)
    requires Quiet(w, x, k, names, records) && (names ==> names2) && (records ==> records2)
    ensures Quiet(w, x, k, names2, records2)
  {
  }

  lemma InstallIsQuiet(env: Env, w: World, name: string, idPrefix: string, k: string)
    requires GoodWorld(env, w) && InstallFrom(env, w, w.st.charter, name, idPrefix).Ok?
    ensures Quiet(w, InstallFrom(env, w, w.st.charter, name, idPrefix).value, k, k == name, false)
  {
    hide GoodCharter, Conserved, UniqueNames, GoodHash, QueueChange, Tokens, Committable;
    var c, o := w.st.charter, OptionsFor(env, name, idPrefix, w.st.charter);
    var kind := if FindPolicy(c.manifest, name).Some? then ReplaceChange else AddChange;
    QueuedChange(env.h, c, kind, o, w.wallet[0]);
    PendingFields(env.h, kind, FindPolicy(c.manifest, name), o, w.wallet[0]);
    var x := InstallFrom(env, w, c, name, idPrefix).value;
    assert x.st.charter.pendingChanges[1..] == c.pendingChanges;
    assert w.wallet[0] in w.wallet;
  }

  lemma CommitIsQuiet(env: Env, w: World, k: string)
    requires GoodWorld(env, w) && Commit(w.st.charter).Ok?
    ensures Quiet(w, w.(st := Apply(w.st, Commit(w.st.charter).value, None)), k, false, false)
  {
    hide Commit, GoodCharter, Conserved, UniqueNames, GoodHash, NoneFor;
    CommitByKey(w.st.charter, k);
    CommitKeeps(w.st.charter);
    NothingForAny(k);
  }

  lemma RegisterIsQuiet(env: Env, w: World, entry: ManifestEntry, k: string)
    requires GoodWorld(env, w) && AddManifestEntry(w.st.charter, CURRENT_SETTINGS, entry).Ok?
    ensures var x := w.(st := Apply(w.st, AddManifestEntry(w.st.charter, CURRENT_SETTINGS, entry).value, None));
            Quiet(w, x, k, k == "currentSettings", false) && Get(x.st.charter.manifest, "currentSettings") == Some(entry)
  {
    var m := w.st.charter.manifest;
    FromEntriesSnoc(m, CURRENT_SETTINGS, entry);
    GetOfPut(m, CURRENT_SETTINGS, entry, k);
    GetOfPut(m, CURRENT_SETTINGS, entry, CURRENT_SETTINGS);
  }

  lemma {:induction false} JobIsQuiet(env: Env, job: Job, w: World, k: string)
    requires GoodWorld(env, w) && PlannedFor(job, w) && Build(env, job, w).Txn?
    ensures Quiet(w, Build(env, job, w).next, k, MayName(env, job, k), job.CreateSettingsRecord?)
  {
    hide GoodWorld, InstallFrom, Commit, AddManifestEntry, Quiet;
    match job
    case InstallSettings(_) => InstallIsQuiet(env, w, SETTINGS, "set", k);
    case SetupRole(role) =>
      if InstallFrom(env, w, w.st.charter, role.typeName, role.idPrefix).Ok? {
        InstallIsQuiet(env, w, role.typeName, role.idPrefix, k);
      } else {
        QuietReflexive(w, k, MayName(env, job, k), false);
      }
    case CommitIfNeeded => CommitIsQuiet(env, w, k);
    case AddCurrentSettings =>
      RegisterIsQuiet(env, w, ManifestEntry(w.settingsRecord.value, None, NamedTokenRef), k);
    case CreateSettingsRecord => RecordIsQuiet(env, w, k);
    case StoreRefScript(_) => QuietReflexive(w, k, false, false);
  }

  /** The settings record is named from the wallet's first seed, which it spends. */
  lemma RecordIsQuiet(env: Env, w: World, k: string)
    requires BuildSettingsRecord(env, w).Txn?
    ensures var x := BuildSettingsRecord(env, w).next;
            && Quiet(w, x, k, false, true)
            && w.wallet != [] && w.wallet[0] !in w.st.spent && w.wallet[0] in x.st.spent && w.wallet[0] in w.wallet
            && x.settingsRecord == Some(env.settingsPrefix + "-" + env.h(w.wallet[0]))
  {
  }

  lemma {:induction false} OnlyActiveRoles(roles: seq<RoleInfo>, c: Charter, job: Job)
    requires RoleJobs(roles, c).Ok? && job in RoleJobs(roles, c).value
    ensures job.SetupRole? && job.role in roles && job.role.enabled && job.role.isDataPolicy
  {
    if job !in RoleJobs(roles[1..], c).value {
      assert job == SetupRole(roles[0]);
    } else {
      OnlyActiveRoles(roles[1..], c, job);
    }
  }

  /** What is nested in a node names no more than the node. */
  lemma KidsNameNoMore(env: Env, job: Job, w: World, k: string)
    ensures forall kid <- Build(env, job, w).Kids() ::
              (MayName(env, kid, k) ==> MayName(env, job, k)) && !kid.CreateSettingsRecord? && !kid.InstallSettings?
  {
    forall kid | kid in Build(env, job, w).Kids()
      ensures (MayName(env, kid, k) ==> MayName(env, job, k)) && !kid.CreateSettingsRecord? && !kid.InstallSettings?
    {
      if job.CheckForUpdates? && env.autoSetup && kid != CommitIfNeeded {
        OnlyActiveRoles(env.roles, w.st.charter, kid);
        var i :| 0 <= i < |env.roles| && env.roles[i] == kid.role;
      }
    }
  }

  predicate AllQuiet(env: Env, jobs: seq<Job>, k: string, names: bool, records: bool) {
    forall i :: 0 <= i < |jobs| ==>
      (MayName(env, jobs[i], k) ==> names) && (jobs[i].CreateSettingsRecord? ==> records)
  }

  /** Whatever is nested in a node, and whether it completes or not, its run leaves every other key. */
  lemma {:induction false} NodeIsQuiet(env: Env, job: Job, path: Path, w: World, k: string)
    requires Bounded(Plan(env)) && GoodEnv(env) && GoodWorld(env, w) && PlannedFor(job, w) && RoleIsGood(job)
    ensures Quiet(w, RunNode(Plan(env), job, path, w).state, k, MayName(env, job, k), job.CreateSettingsRecord?)
    decreases Rank(job), 1, 0
  {
    hide GoodWorld, Build, Grows, Quiet, MayName;
    var p, o := Plan(env), Build(env, job, w);
    var names, records := MayName(env, job, k), job.CreateSettingsRecord?;
    assert p.build(job, w) == o && p.rank(job) == Rank(job);
    QuietReflexive(w, k, names, records);
    if o.Txn? || o.Facade? {
      var next := if o.Txn? then o.next else w;
      if o.Txn? {
        JobKeeps(env, job, w);
        JobIsQuiet(env, job, w, k);
      }
      KidsAreOrdinary(env, job, w);
      KidsNameNoMore(env, job, w, k);
      assert RanksBelow(p, p.build(job, w).Kids(), p.rank(job));
      ListIsQuiet(env, o.children, 0, path, next, Rank(job), k, names, records);
      assert RunNode(p, job, path, w).state == RunList(p, o.children, path, next, p.rank(job)).state;
      QuietTransitive(w, next, RunNode(p, job, path, w).state, k, names, records);
    }
  }

  lemma {:induction false} ListIsQuiet(env: Env, jobs: seq<Job>, i: nat, parent: Path, w: World, bound: nat, k: string,
                                       names: bool, records: bool)
    requires Bounded(Plan(env)) && RanksBelow(Plan(env), jobs, bound) && i <= |jobs|
    requires GoodEnv(env) && GoodWorld(env, w) && Ordinary(jobs[i..]) && AllQuiet(env, jobs[i..], k, names, records)
    ensures Quiet(w, RunFrom(Plan(env), jobs, i, parent, w, bound).state, k, names, records)
    decreases bound, 0, |jobs| - i
  {
    hide GoodWorld, Build, Grows, Quiet, MayName;
    QuietReflexive(w, k, names, records);
    if i < |jobs| {
      assert jobs[i] == jobs[i..][0] && jobs[i + 1..] == jobs[i..][1..];
      assert Plan(env).rank(jobs[i]) < bound;
      var first := RunNode(Plan(env), jobs[i], Child(parent, i), w);
      NodeKeeps(env, jobs[i], Child(parent, i), w);
      NodeIsQuiet(env, jobs[i], Child(parent, i), w, k);
      QuietFewer(w, first.state, k, MayName(env, jobs[i], k), jobs[i].CreateSettingsRecord?, names, records);
      if first.error.None? {
        ListIsQuiet(env, jobs, i + 1, parent, first.state, bound, k, names, records);
        QuietTransitive(w, first.state, RunFrom(Plan(env), jobs, i + 1, parent, first.state, bound).state, k, names, records);
      }
    }
  }

  /** The same from a job on that may be planned for the charter it finds. */
  lemma TopIsQuiet(env: Env, jobs: seq<Job>, i: nat, w: World, k: string, names: bool, records: bool)
    requires Bounded(Plan(env)) && RanksBelow(Plan(env), jobs, 3) && i < |jobs| && PlannedFor(jobs[i], w)
    requires GoodEnv(env) && GoodWorld(env, w) && RoleIsGood(jobs[i]) && Ordinary(jobs[i + 1..])
    requires AllQuiet(env, jobs[i..], k, names, records)
    ensures Quiet(w, RunFrom(Plan(env), jobs, i, [], w, 3).state, k, names, records)
  {
    hide GoodWorld, Build, Grows, Quiet, MayName;
    assert jobs[i] == jobs[i..][0] && jobs[i + 1..] == jobs[i..][1..];
    var first := RunNode(Plan(env), jobs[i], Child([], i), w);
    NodeKeeps(env, jobs[i], Child([], i), w);
    NodeIsQuiet(env, jobs[i], Child([], i), w, k);
    QuietFewer(w, first.state, k, MayName(env, jobs[i], k), jobs[i].CreateSettingsRecord?, names, records);
    if first.error.None? {
      ListIsQuiet(env, jobs, i + 1, [], first.state, 3, k, names, records);
      QuietTransitive(w, first.state, RunFrom(Plan(env), jobs, i + 1, [], first.state, 3).state, k, names, records);
    }
  }

  // ----- registering the settings -----

  /** The settings record is named from a seed that the run has spent, and registered under its key. */
  ghost predicate Registered(env: Env, w: World, x: World) {
    exists s :: s in w.wallet && s !in w.st.spent && s in x.st.spent && RegisteredAs(env, s, x)
  }

  predicate RegisteredAs(env: Env, s: TxOutputId, x: World) {
    var name := env.settingsPrefix + "-" + env.h(s);
    x.settingsRecord == Some(name)
    && Get(x.st.charter.manifest, "currentSettings") == Some(ManifestEntry(name, None, NamedTokenRef))
  }

  /** When the settings nodes have something to build; otherwise they throw. */
  lemma SettingsBuildExactly(env: Env, w: World)
    ensures var policy := HasPolicy(w.st.charter.manifest, "settings");
            && (BuildSettingsRecord(env, w).Txn? <==>
                  policy && env.hasInitialSettings && w.wallet != [] && w.wallet[0] !in w.st.spent)
            && (BuildAddSettings(env, w).Txn? <==> policy && w.settingsRecord.Some?)
            && (BuildSettingsRecord(env, w).Txn? || BuildSettingsRecord(env, w).Throws?)
            && (BuildAddSettings(env, w).Txn? || BuildAddSettings(env, w).Throws?)
  {
  }

  lemma RecordNode(env: Env, path: Path, w: World)
    requires Bounded(Plan(env)) && RunNode(Plan(env), CreateSettingsRecord, path, w).error.None?
    ensures var x := RunNode(Plan(env), CreateSettingsRecord, path, w).state;
            && w.wallet != [] && w.wallet[0] !in w.st.spent && w.wallet[0] in x.st.spent
            && x.settingsRecord == Some(env.settingsPrefix + "-" + env.h(w.wallet[0]))
  {
    var p, o := Plan(env), BuildSettingsRecord(env, w);
    assert p.build(CreateSettingsRecord, w) == o;
    SettingsBuildExactly(env, w);
    RecordIsQuiet(env, w, "");
    assert RunFrom(p, [], 0, path, o.next, 0).state == o.next;
  }

  lemma RegisterNode(env: Env, path: Path, w: World)
    requires Bounded(Plan(env)) && GoodEnv(env) && GoodWorld(env, w)
    requires RunNode(Plan(env), AddCurrentSettings, path, w).error.None?
    ensures var x := RunNode(Plan(env), AddCurrentSettings, path, w).state;
            && GoodWorld(env, x) && w.settingsRecord.Some? && x.settingsRecord == w.settingsRecord
            && Get(x.st.charter.manifest, "currentSettings") ==
               Some(ManifestEntry(w.settingsRecord.value, None, NamedTokenRef))
  {
    hide GoodWorld, Commit, AddManifestEntry, SettingsPolicy, Grows, Quiet;
    var p, o := Plan(env), BuildAddSettings(env, w);
    var k := "currentSettings";
    SettingsBuildExactly(env, w);
    NodeKeeps(env, AddCurrentSettings, path, w);
    assert p.build(AddCurrentSettings, w) == o && o.Txn?;
    RegisterIsQuiet(env, w, ManifestEntry(w.settingsRecord.value, None, NamedTokenRef), k);
    JobKeeps(env, AddCurrentSettings, w);
    assert RanksBelow(p, p.build(AddCurrentSettings, w).Kids(), p.rank(AddCurrentSettings));
    ListIsQuiet(env, [CommitIfNeeded], 0, path, o.next, 1, k, false, false);
    assert RunNode(p, AddCurrentSettings, path, w).state == RunList(p, [CommitIfNeeded], path, o.next, 1).state;
    QuietAt(env, o.next, RunNode(p, AddCurrentSettings, path, w).state, k);
  }

  lemma QuietAt(env: Env, w: World, x: World, k: string)
    requires Quiet(w, x, k, false, false) && GoodWorld(env, w)
    ensures k == "currentSettings" ==> Leaves(w, x, k)
    ensures x.settingsRecord == w.settingsRecord && SpendsFrom(w, x)
  {
    hide Inv, GoodHash, SpendsFrom;
  }

  lemma SpendsOn(w: World, x: World, y: World, s: TxOutputId)
    requires SpendsFrom(x, y) && s in x.st.spent
    ensures s in y.st.spent
  {
  }

  lemma NoRoleIsCurrentSettings(env: Env)
    requires GoodEnv(env)
    ensures !MayName(env, CheckForUpdates, "currentSettings")
  {
    forall i | 0 <= i < |env.roles| ensures env.roles[i].typeName != "currentSettings" {
      assert GoodRole(env.roles[i]);
    }
  }

  /** A list that completes has completed its first node, and the rest from there. */
  lemma FirstThenRest(env: Env, jobs: seq<Job>, i: nat, w: World)
    requires Bounded(Plan(env)) && RanksBelow(Plan(env), jobs, 3) && i < |jobs|
    requires RunFrom(Plan(env), jobs, i, [], w, 3).error.None?
    ensures var first := RunNode(Plan(env), jobs[i], Child([], i), w);
            var rest := RunFrom(Plan(env), jobs, i + 1, [], first.state, 3);
            && first.error.None? && rest.error.None? && RunFrom(Plan(env), jobs, i, [], w, 3).state == rest.state
            && (i + 1 == |jobs| ==> rest.state == first.state)
  {
    hide RunNode;
  }

  /** The two settings nodes and the check for updates, when they complete, have registered a record. */
  lemma SettingsNodes(env: Env, jobs: seq<Job>, n: nat, w: World)
    requires Bounded(Plan(env)) && RanksBelow(Plan(env), jobs, 3) && GoodEnv(env) && GoodWorld(env, w)
    requires |jobs| == n + 3 && jobs[n] == CreateSettingsRecord && jobs[n + 1] == AddCurrentSettings
    requires jobs[n + 2] == CheckForUpdates && RunFrom(Plan(env), jobs, n, [], w, 3).error.None?
    ensures Registered(env, w, RunFrom(Plan(env), jobs, n, [], w, 3).state)
  {
    hide GoodWorld, RunNode, RunFrom, Build, Quiet, Grows, SpendsFrom, MayName;
    var p, k := Plan(env), "currentSettings";
    FirstThenRest(env, jobs, n, w);
    var a := RunNode(p, jobs[n], Child([], n), w).state;
    FirstThenRest(env, jobs, n + 1, a);
    var b := RunNode(p, jobs[n + 1], Child([], n + 1), a).state;
    FirstThenRest(env, jobs, n + 2, b);
    var x := RunNode(p, jobs[n + 2], Child([], n + 2), b).state;
    RecordNode(env, Child([], n), w);
    NodeKeeps(env, jobs[n], Child([], n), w);
    RegisterNode(env, Child([], n + 1), a);
    NodeIsQuiet(env, jobs[n + 1], Child([], n + 1), a, "");
    NodeIsQuiet(env, jobs[n + 2], Child([], n + 2), b, k);
    NoRoleIsCurrentSettings(env);
    QuietAt(env, b, x, k);
    QuietSpends(a, b, "", MayName(env, jobs[n + 1], ""), false);
    SpendsOn(w, a, b, w.wallet[0]);
    SpendsOn(w, b, x, w.wallet[0]);
    assert RegisteredAs(env, w.wallet[0], x) && w.wallet[0] in w.wallet;
  }

  lemma QuietSpends(w: World, x: World, k: string, names: bool, records: bool)
    requires Quiet(w, x, k, names, records)
    ensures SpendsFrom(w, x)
  {
    hide SpendsFrom;
  }

  /** What a later part of the run has registered, the whole run has. */
  lemma RegisteredFrom(env: Env, w: World, x: World, y: World)
    requires SpendsFrom(w, x) && Registered(env, x, y)
    ensures Registered(env, w, y)
  {
    var s :| s in x.wallet && s !in x.st.spent && s in y.st.spent && RegisteredAs(env, s, y);
    assert s in w.wallet && s !in w.st.spent;
  }

  /** The settings policy is installed first if it is missing. */
  lemma PolicyThenSettingsNodes(env: Env, jobs: seq<Job>, w: World)
    requires Bounded(Plan(env)) && RanksBelow(Plan(env), jobs, 3) && GoodEnv(env) && GoodWorld(env, w)
    requires jobs == [InstallSettings(w.st.charter), CommitIfNeeded, CreateSettingsRecord, AddCurrentSettings, CheckForUpdates]
    requires RunFrom(Plan(env), jobs, 0, [], w, 3).error.None?
    ensures Registered(env, w, RunFrom(Plan(env), jobs, 0, [], w, 3).state)
  {
    hide GoodWorld, RunNode, RunFrom, Build, Quiet, Grows, SpendsFrom, MayName, Registered;
    var p := Plan(env);
    FirstThenRest(env, jobs, 0, w);
    var a := RunNode(p, jobs[0], Child([], 0), w).state;
    FirstThenRest(env, jobs, 1, a);
    var b := RunNode(p, jobs[1], Child([], 1), a).state;
    NodeKeeps(env, jobs[0], Child([], 0), w);
    NodeKeeps(env, jobs[1], Child([], 1), a);
    NodeIsQuiet(env, jobs[0], Child([], 0), w, "");
    NodeIsQuiet(env, jobs[1], Child([], 1), a, "");
    QuietSpends(w, a, "", MayName(env, jobs[0], ""), false);
    QuietSpends(a, b, "", MayName(env, jobs[1], ""), false);
    SettingsNodes(env, jobs, 2, b);
    RegisteredFrom(env, a, b, RunFrom(p, jobs, 2, [], b, 3).state);
    RegisteredFrom(env, w, a, RunFrom(p, jobs, 2, [], b, 3).state);
  }

  // ----- installing the settings policy -----

  /** An install that is not needed has its policy there, or on its way. */
  lemma NotNeededMeansOnItsWay(env: Env, w: World, name: string, idPrefix: string)
    requires GoodWorld(env, w) && InstallFrom(env, w, w.st.charter, name, idPrefix).Err?
    requires MeansNotNeeded(InstallFrom(env, w, w.st.charter, name, idPrefix).error)
    ensures HasPolicy(w.st.charter.manifest, name) || !NoneFor(w.st.charter.pendingChanges, name)
  {
    hide GoodCharter, Conserved, UniqueNames, GoodHash;
    var c := w.st.charter;
    assert GoodCharter(c);
    assert Distinct(c.manifest) by { GoodManifestIsDistinct(c); }
    FindPolicyIsLookup(c.manifest, name);
    if FindPending(c.pendingChanges, AddChange, name) {
      FindPendingSound(c.pendingChanges, AddChange, name);
    }
  }

  lemma GoodManifestIsDistinct(c: Charter)
    requires GoodCharter(c)
    ensures Distinct(c.manifest)
  {
  }

  lemma InstallSettingsNode(env: Env, path: Path, w: World)
    requires Bounded(Plan(env)) && GoodEnv(env) && GoodWorld(env, w)
    requires RunNode(Plan(env), InstallSettings(w.st.charter), path, w).error.None?
    ensures var x := RunNode(Plan(env), InstallSettings(w.st.charter), path, w).state;
            HasPolicy(x.st.charter.manifest, "settings") || !NoneFor(x.st.charter.pendingChanges, "settings")
  {
    hide GoodWorld, InstallFrom, Grows;
    var p, job := Plan(env), InstallSettings(w.st.charter);
    assert p.build(job, w) == Build(env, job, w);
    match InstallFrom(env, w, w.st.charter, SETTINGS, "set")
    case Ok(next) =>
      InstallKeeps(env, w, SETTINGS, "set");
      assert RanksBelow(p, p.build(job, w).Kids(), p.rank(job));
      InstallKids(env, SETTINGS, path, next, p.rank(job));
    case Err(e) =>
      NotNeededMeansOnItsWay(env, w, SETTINGS, "set");
  }

  /** The first two nodes of a plan that installs the settings policy. */
  lemma SettingsInstalled(env: Env, jobs: seq<Job>, w: World)
    requires Bounded(Plan(env)) && RanksBelow(Plan(env), jobs, 3) && GoodEnv(env) && GoodWorld(env, w)
    requires |jobs| > 2 && jobs[0] == InstallSettings(w.st.charter) && jobs[1] == CommitIfNeeded && Ordinary(jobs[2..])
    requires RunFrom(Plan(env), jobs, 0, [], w, 3).error.None?
    ensures HasPolicy(RunFrom(Plan(env), jobs, 0, [], w, 3).state.st.charter.manifest, "settings")
  {
    hide GoodWorld, RunNode, RunFrom, Build, Grows, HasPolicy;
    var p := Plan(env);
    FirstThenRest(env, jobs, 0, w);
    var a := RunNode(p, jobs[0], Child([], 0), w).state;
    FirstThenRest(env, jobs, 1, a);
    var b := RunNode(p, jobs[1], Child([], 1), a).state;
    NodeKeeps(env, jobs[0], Child([], 0), w);
    InstallSettingsNode(env, Child([], 0), w);
    CommitNode(env, Child([], 1), a);
    GrowsAt(a, b);
    assert forall i :: 2 <= i < |jobs| ==> jobs[i] == jobs[2..][i - 2];
    LaterJobsKeep(env, jobs, 2, b);
    GrowsAt(b, RunFrom(p, jobs, 2, [], b, 3).state);
  }

  lemma {:induction false} LaterJobsKeep(env: Env, jobs: seq<Job>, i: nat, w: World)
    requires Bounded(Plan(env)) && RanksBelow(Plan(env), jobs, 3) && 1 <= i <= |jobs| && GoodEnv(env) && GoodWorld(env, w)
    requires forall j :: i <= j < |jobs| ==> !jobs[j].InstallSettings? && RoleIsGood(jobs[j])
    requires RunFrom(Plan(env), jobs, i, [], w, 3).error.None?
    ensures Grows(w, RunFrom(Plan(env), jobs, i, [], w, 3).state)
    decreases |jobs| - i
  {
    hide GoodWorld, RunNode, Build, Grows;
    GrowsReflexive(w);
    if i < |jobs| {
      var first := RunNode(Plan(env), jobs[i], Child([], i), w);
      FirstThenRest(env, jobs, i, w);
      NodeKeeps(env, jobs[i], Child([], i), w);
      LaterJobsKeep(env, jobs, i + 1, first.state);
      GrowsTransitive(w, first.state, RunFrom(Plan(env), jobs, i + 1, [], first.state, 3).state);
    }
  }

  // ----- the whole run -----

  /** The settings are to be registered: the Capo has them, and the charter names no record. */
  predicate NeedsSettings(env: Env, c: Charter) {
    (exists role :: role in env.roles && role.typeName == "settings") && !Has(c.manifest, "currentSettings")
  }

  /** From `w` to `x`, a settings record has been made and registered, or nothing about it has changed. */
  ghost predicate SettingsDone(env: Env, w: World, x: World) {
    if NeedsSettings(env, w.st.charter) then Registered(env, w, x)
    else x.settingsRecord == w.settingsRecord
         && Get(x.st.charter.manifest, "currentSettings") == Get(w.st.charter.manifest, "currentSettings")
  }

  lemma RoleNamed(env: Env, n: string)
    ensures (exists role :: role in env.roles && role.typeName == n)
            <==> exists i :: 0 <= i < |env.roles| && env.roles[i].typeName == n
  {
    if role :| role in env.roles && role.typeName == n {
      var i :| 0 <= i < |env.roles| && env.roles[i] == role;
    }
    if i :| 0 <= i < |env.roles| && env.roles[i].typeName == n {
      assert env.roles[i] in env.roles;
    }
  }

  /** What is planned at the top, and what it may name. */
  lemma TopNames(env: Env, c: Charter, k: string)
    requires TopJobs(env, c).Ok?
    ensures var jobs := TopJobs(env, c).value;
            var settings := exists role :: role in env.roles && role.typeName == "settings";
            && AllQuiet(env, jobs, k,
                        || (k == "settings" && settings && !HasPolicy(c.manifest, "settings"))
                        || (k == "currentSettings" && NeedsSettings(env, c))
                        || MayName(env, CheckForUpdates, k),
                        NeedsSettings(env, c))
            && (settings && !HasPolicy(c.manifest, "settings") ==>
                  |jobs| > 2 && jobs[0] == InstallSettings(c) && jobs[1] == CommitIfNeeded && Ordinary(jobs[2..]))
            && (NeedsSettings(env, c) ==>
                  || jobs == [CreateSettingsRecord, AddCurrentSettings, CheckForUpdates]
                  || jobs == [InstallSettings(c), CommitIfNeeded, CreateSettingsRecord, AddCurrentSettings, CheckForUpdates])
  {
    RoleNamed(env, "settings");
  }

  /** Main result: an upgrade that completes has, if the Capo has settings and the charter named no
      settings record, made one from a seed of its own and registered it under `currentSettings`, and
      otherwise changed neither the record nor that entry; and a Capo that has settings has their
      policy. */
  lemma UpgradeRegistersSettings(env: Env, w: World)
    requires GoodEnv(env) && GoodWorld(env, w)
    requires UpgradeRun(env, w).Ok? && UpgradeRun(env, w).value.error.None?
    ensures SettingsDone(env, w, UpgradeRun(env, w).value.state)
    ensures (exists role :: role in env.roles && role.typeName == "settings") ==>
              HasPolicy(UpgradeRun(env, w).value.state.st.charter.manifest, "settings")
  {
    hide GoodWorld, RunFrom, TopJobs, Registered, MayName, Quiet;
    PlanIsBounded(env);
    var jobs, k := TopJobs(env, w.st.charter).value, "currentSettings";
    TopJobsShape(env, w.st.charter);
    TopNames(env, w.st.charter, k);
    if HasPolicy(w.st.charter.manifest, "settings") {
      UpgradeTheorem(env, w);
      GrowsAt(w, UpgradeRun(env, w).value.state);
    } else if role :| role in env.roles && role.typeName == "settings" {
      SettingsInstalled(env, jobs, w);
    }
    if NeedsSettings(env, w.st.charter) {
      if |jobs| == 3 {
        SettingsNodes(env, jobs, 0, w);
      } else {
        PolicyThenSettingsNodes(env, jobs, w);
      }
    } else {
      NoRoleIsCurrentSettings(env);
      assert jobs[0..] == jobs;
      TopIsQuiet(env, jobs, 0, w, k, false, false);
      QuietAt(env, w, RunFrom(Plan(env), jobs, 0, [], w, 3).state, k);
    }
  }

  /** Main result: whether it completes or not, an upgrade leaves every manifest entry as it was but
      those of the roles that it sets up, of what was pending, and of the settings it was to install; a
      role that is not enabled gets no policy. */
  lemma UpgradeTouchesNothingElse(env: Env, w: World, k: string)
    requires GoodEnv(env) && GoodWorld(env, w) && UpgradeRun(env, w).Ok?
    requires NoneFor(w.st.charter.pendingChanges, k)
    requires forall role <- env.roles :: role.typeName == k ==> !env.autoSetup || !role.enabled || !role.isDataPolicy
    requires k == "settings" ==> HasPolicy(w.st.charter.manifest, k) || forall role <- env.roles :: role.typeName != k
    requires k == "currentSettings" ==> !NeedsSettings(env, w.st.charter)
    ensures var x := UpgradeRun(env, w).value.state;
            Get(x.st.charter.manifest, k) == Get(w.st.charter.manifest, k) && NoneFor(x.st.charter.pendingChanges, k)
  {
    hide GoodWorld, RunFrom, TopJobs;
    PlanIsBounded(env);
    var jobs := TopJobs(env, w.st.charter).value;
    TopJobsShape(env, w.st.charter);
    TopNames(env, w.st.charter, k);
    assert jobs[0..] == jobs;
    TopIsQuiet(env, jobs, 0, w, k, false, true);
  }
}
